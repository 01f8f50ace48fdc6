/** From every reachable state the system can bring every subject to where it
    should be. */
module Recovery {
  import opened Common
  import opened Timeline
  import opened Policy
  import opened Planner
  import opened Store
  import opened Convergence
  import opened Protocol
  import opened ProtocolInvariant
  import opened Exactness
  import opened Undisturbed
  import opened Progress
  import opened Scenarios

  /** No condition fails to evaluate. */
  ghost predicate Evaluates(cfg: Config) {
    forall profile :: FirstMatch(cfg.programs, profile).Ok?
  }

  /** The row of x is clean, and it is right. */
  ghost predicate Served(par: Params, s: Sys, x: string) {
    Clean(s, x) && Satisfied(CurrentGoal(par, s, x), Members(s, par.userOf(x)))
  }

  lemma {:induction false} Above(used: set<nat>) returns (p: nat)
    ensures forall q :: q in used ==> q < p
    decreases |used|
  {
    if used == {} {
      p := 0;
    } else {
      var q := Member(used);
      p := Above(used - {q});
      if p <= q { p := q + 1; }
      forall r | r in used ensures r < p { assert r == q || r in used - {q}; }
    }
  }

  lemma FinishedRest(s: Sys)
    requires AllFinished(s)
    ensures Rests(s)
  {
  }

  lemma SucceededIsClean(s: Sys, x: string, seen: Seen, db: Tables)
    requires s.db == Succeeded(db, x, s.clock, NextOf(seen.intents, s.clock)) && x in s.seen
    ensures Clean(s, x)
  {
    assert s.db.states[x].nextTransition == NextOf(seen.intents, s.clock) && s.db.states[x].nextRetry.None?;
  }

  /** A complete run serves its subject. */
  lemma RanServes(par: Params, s: Sys, s': Sys, pid: Pid, x: string, rule: Option<nat>)
    requires ValidConfig(par.cfg) && Ran(par, s, s', pid, x, rule)
    ensures Served(par, s', x)
  {
    RanMeetsGoal(par, s, s', pid, x, rule);
    SameIntents(s.db, s'.db);
    SucceededIsClean(s', x, s'.seen[x], s.db);
  }

  /** And it leaves the subjects of other users as they were. */
  lemma RanKeepsOthers(par: Params, s: Sys, s': Sys, pid: Pid, x: string, rule: Option<nat>, y: string)
    requires Ran(par, s, s', pid, x, rule) && par.userOf(y) != par.userOf(x) && Served(par, s, y)
    ensures Served(par, s', y)
  {
    SameIntents(s.db, s'.db);
  }

  /** From a state in which nothing is under way, a run on x. */
  lemma ServeOne(par: Params, s: Sys, x: string) returns (steps: seq<Step>, s': Sys, pid: Pid, rule: Option<nat>)
    requires ValidConfig(par.cfg) && Evaluates(par.cfg) && par.poolSize >= 1 && AllFinished(s)
    ensures Leads(par, s, steps, s') && Ran(par, s, s', pid, x, rule) && pid !in s.procs && AllFinished(s')
  {
    pid := Above(s.procs.Keys + s.spoiled);
    FinishedRest(s);
    NobodyConnected(par, s, pid);
    var profile := User(true, par.userOf(x), "", "", "", HeldList(par.cfg.groups, Members(s, par.userOf(x))));
    rule := FirstMatch(par.cfg.programs, profile).value;
    steps, s' := FullRun(par, s, pid, x, profile, rule);
  }

  /** What a round of runs leaves alone. */
  ghost predicate SameWork(s: Sys, s': Sys) {
    s'.clock == s.clock && s'.db.intents == s.db.intents && s'.db.states.Keys == s.db.states.Keys
  }

  lemma ServedNow(par: Params, s: Sys, s': Sys, pid: Pid, x: string, rule: Option<nat>)
    requires ValidConfig(par.cfg) && Ran(par, s, s', pid, x, rule) && x in s.db.states && DistinctUsers(par, s.db.states.Keys)
    ensures SameWork(s, s')
    ensures forall y :: y == x || (y in s.db.states && Served(par, s, y)) ==> Served(par, s', y)
  {
    RanServes(par, s, s', pid, x, rule);
    assert s'.db.states.Keys == s.db.states.Keys;
    forall y | y in s.db.states && y != x && Served(par, s, y) ensures Served(par, s', y) {
      RanKeepsOthers(par, s, s', pid, x, rule, y);
    }
  }

  /** One run after another serves a set of subjects. */
  lemma {:induction false} ServeAll(par: Params, s: Sys, todo: set<string>) returns (steps: seq<Step>, s': Sys)
    requires ValidConfig(par.cfg) && Evaluates(par.cfg) && par.poolSize >= 1 && AllFinished(s)
    requires todo <= s.db.states.Keys && DistinctUsers(par, s.db.states.Keys)
    ensures Leads(par, s, steps, s') && AllFinished(s') && SameWork(s, s')
    ensures forall x :: x in todo || (x in s.db.states && Served(par, s, x)) ==> Served(par, s', x)
    decreases |todo|
  {
    if todo == {} {
      steps, s' := [], s;
    } else {
      var x := Member(todo);
      var first, mid, pid, rule := ServeOne(par, s, x);
      ServedNow(par, s, mid, pid, x, rule);
      var rest;
      rest, s' := ServeAll(par, mid, todo - {x});
      Join(par, s, first, mid, rest, s');
      steps := first + rest;
    }
  }

  lemma ForwardStep(par: Params, s: Sys, step: Step)
    requires CanStep(par, s, step)
    ensures NamedBy(step) == {} && Next(par, s, step).clock == s.clock
  {
  }

  lemma {:induction false} ForwardKeeps(par: Params, s: Sys, steps: seq<Step>, subjects: set<string>)
    requires ValidConfig(par.cfg) && Inv(par, s) && Confined(subjects, s)
    requires Executable(par, s, steps) && AllForward(par, s, steps)
    ensures var s' := Final(par, s, steps); Inv(par, s') && Confined(subjects, s') && s'.clock == s.clock
    decreases |steps|
  {
    if steps != [] {
      ForwardStep(par, s, steps[0]);
      KeepInv(par, s, steps[0]);
      KeepConfined(par, subjects, s, steps[0]);
      ForwardKeeps(par, Next(par, s, steps[0]), steps[1..], subjects);
    }
  }

  lemma NobodyDue(par: Params, s: Sys)
    requires SubjectsWithIntents(s.db) <= s.db.states.Keys && forall x :: x in s.db.states ==> Served(par, s, x)
    ensures DueSubjects(s.db, s.clock) == {}
  {
    forall x ensures x !in DueSubjects(s.db, s.clock) {
      assert x in s.db.states ==> Served(par, s, x);
    }
  }

  /** Recovery. From every reachable state, whatever was crashed, disturbed or left
      half done, there is a schedule without any failure, and without any time
      passing, after which all processes are finished, no subject is due, and
      every subject has exactly what the rule it matched asserts: what is pending
      finishes, and then each subject is run once. */
  lemma EverythingIsServed(par: Params, s: Sys, names: set<LockName>, subjects: set<string>)
    returns (finish: seq<Step>, serve: seq<Step>, s': Sys)
    requires ValidConfig(par.cfg) && Evaluates(par.cfg) && Inv(par, s) && par.poolSize >= 1
    requires par.poolSize == 1 || (Covers(names, s) && InjectiveOn(par, names))
    requires Confined(subjects, s) && DistinctUsers(par, subjects)
    ensures Executable(par, s, finish) && AllForward(par, s, finish)
    ensures Leads(par, Final(par, s, finish), serve, s')
    ensures AllFinished(s') && s'.clock == s.clock && DueSubjects(s'.db, s'.clock) == {}
    ensures s'.db.intents == Final(par, s, finish).db.intents
    ensures forall x :: x in SubjectsWithIntents(s'.db) ==> Served(par, s', x)
  {
    finish := EverythingFinishes(par, s, names);
    ForwardKeeps(par, s, finish, subjects);
    var mid := Final(par, s, finish);
    serve, s' := ServeAll(par, mid, mid.db.states.Keys);
    SameIntents(mid.db, s'.db);
    NobodyDue(par, s');
  }
}
